/** The per-method text of the Connect client generator: the stream-type
    tag, the idempotency literal, the availability annotations and the
    statements of each generated method. */
module ClientGenerator {
  import opened Wrappers
  import opened Strings
  import opened Descriptor
  import opened Parsing
  import opened MethodExtensions

  /** The Swift access-level keyword for a visibility option. */
  function VisibilityKeyword(v: Visibility): (r: string)
    ensures ParseVisibility(r) == Some(v)
  {
    match v
    case Internal => "internal"
    case Public => "public"
    case Package => "package"
  }

  /** The tag naming a method's stream type, chosen by the same branch
      chain as the signature and the body. */
  function SpecStreamType(m: Method): (r: string)
    ensures ParseStreamType(r) == Some(MethodShape(m))
  {
    if m.clientStreaming && m.serverStreaming then ".bidirectionalStream"
    else if m.serverStreaming then ".serverStream"
    else if m.clientStreaming then ".clientStream"
    else ".unary"
  }

  /** The case name of the transport's idempotency level. */
  function IdempotencyLevel(level: Idempotency): (r: string)
    ensures ParseIdempotencyLevel(r) == Some(level)
  {
    match level
    case IdempotencyUnknown => "unknown"
    case NoSideEffects => "noSideEffects"
    case Idempotent => "idempotent"
  }

  const DeprecationMessage := "This RPC has been marked as deprecated in its `.proto` file."

  /** The part of a deprecating availability attribute before its message. */
  function AvailabilityPrefix(platform: string, version: string): string
  {
    "@available(" + platform + ", introduced: " + version + ", deprecated: " + version + ", "
  }

  /** An availability attribute that introduces and deprecates a
      declaration on `platform` at `version`, with the fixed message. */
  function DeprecatedOn(platform: string, version: string): (r: string)
    ensures StartsWith(r, AvailabilityPrefix(platform, version))
    ensures Contains(r, DeprecationMessage)
  {
    var head := AvailabilityPrefix(platform, version);
    var quoted := DeprecationMessage + "\")";
    var r := head + ("message: \"" + quoted);
    StartsWithConcat(DeprecationMessage, "\")");
    PrefixContained(quoted, DeprecationMessage);
    ContainsPrepend("message: \"", quoted, DeprecationMessage);
    ContainsPrepend(head, "message: \"" + quoted, DeprecationMessage);
    StartsWithConcat(head, "message: \"" + quoted);
    r
  }

  /** The attributes that deprecate a callback-style method: one per Apple
      platform, each at the version the callback style first appeared. */
  function CallbackDeprecations(): (r: string)
    ensures StartsWith(r, AvailabilityPrefix("iOS", "12"))
    ensures Contains(r, AvailabilityPrefix("macOS", "10.15"))
    ensures Contains(r, AvailabilityPrefix("tvOS", "13"))
    ensures Contains(r, AvailabilityPrefix("watchOS", "6"))
    ensures Contains(r, DeprecationMessage)
  {
    var ios := DeprecatedOn("iOS", "12");
    var macos := DeprecatedOn("macOS", "10.15");
    var tvos := DeprecatedOn("tvOS", "13");
    var watchos := DeprecatedOn("watchOS", "6");
    var r := Join([ios, macos, tvos, watchos], "\n");
    JoinOfFour(ios, macos, tvos, watchos, r);
    StartsWithTransitive(r, ios, AvailabilityPrefix("iOS", "12"));
    PrefixContained(r, ios);
    ContainsTransitive(r, ios, DeprecationMessage);
    PrefixContained(macos, AvailabilityPrefix("macOS", "10.15"));
    ContainsTransitive(r, macos, AvailabilityPrefix("macOS", "10.15"));
    PrefixContained(tvos, AvailabilityPrefix("tvOS", "13"));
    ContainsTransitive(r, tvos, AvailabilityPrefix("tvOS", "13"));
    PrefixContained(watchos, AvailabilityPrefix("watchOS", "6"));
    ContainsTransitive(r, watchos, AvailabilityPrefix("watchOS", "6"));
    r
  }

  /** The callback deprecations hold the whole attribute, message
      included, for each of the four platforms, iOS first. */
  lemma CallbackDeprecationsPerPlatform()
    ensures StartsWith(CallbackDeprecations(), DeprecatedOn("iOS", "12"))
    ensures Contains(CallbackDeprecations(), DeprecatedOn("macOS", "10.15"))
    ensures Contains(CallbackDeprecations(), DeprecatedOn("tvOS", "13"))
    ensures Contains(CallbackDeprecations(), DeprecatedOn("watchOS", "6"))
  {
    JoinOfFour(DeprecatedOn("iOS", "12"), DeprecatedOn("macOS", "10.15"), DeprecatedOn("tvOS", "13"),
      DeprecatedOn("watchOS", "6"), CallbackDeprecations());
  }

  /** Four lines joined by newlines start with the first and contain the
      other three. */
  lemma JoinOfFour(a: string, b: string, c: string, d: string, r: string)
    requires r == Join([a, b, c, d], "\n")
    ensures StartsWith(r, a) && Contains(r, b) && Contains(r, c) && Contains(r, d)
  {
    var lines := [a, b, c, d];
    JoinStartsWithFirst(lines, "\n");
    JoinContainsLine(lines, "\n", 1);
    JoinContainsLine(lines, "\n", 2);
    JoinContainsLine(lines, "\n", 3);
  }

  /** The attributes a callback-style method would carry: the platform
      deprecations when the method is deprecated, none otherwise. */
  function CallbackAvailabilityAnnotation(m: Method): (r: Option<string>)
    ensures r.None? <==> !m.deprecated
    ensures r.Some? ==> StartsWith(r.value, AvailabilityPrefix("iOS", "12"))
    ensures r.Some? ==> Contains(r.value, DeprecationMessage)
  {
    if m.deprecated then Some(CallbackDeprecations()) else None
  }

  /** The attribute every async method carries: iOS 13 availability, or an
      iOS deprecation with the fixed message when the method is deprecated. */
  function AsyncAwaitAvailabilityAnnotation(m: Method): (r: string)
    ensures !m.deprecated ==> r == "@available(iOS 13, *)"
    ensures m.deprecated ==> StartsWith(r, AvailabilityPrefix("iOS", "13"))
  {
    if m.deprecated then DeprecatedOn("iOS", "13") else "@available(iOS 13, *)"
  }

  /** The attribute carries the deprecation message exactly when the method
      is deprecated. */
  lemma AnnotationMarksDeprecation(m: Method)
    ensures Contains(AsyncAwaitAvailabilityAnnotation(m), DeprecationMessage) <==> m.deprecated
  {
    if !m.deprecated {
      assert |AsyncAwaitAvailabilityAnnotation(m)| < |DeprecationMessage|;
    }
  }

  const PopulatorCall := "populator?(&request)"
  const SendRequest := "try stream.send(request)"
  const PopulatorPrefix := "populator?("
  const SendPrefix := "try stream.send("
  const UnaryCallPrefix := "await self.client.unary("
  const OnTermination := "continuation.onTermination = { _ in"
  const CancelStream := "stream.cancel()"

  /** The argument that addresses a transport call to a method path. */
  function PathArgument(path: string): string
  {
    "path: \"" + path + "\""
  }

  /** The argument that hands a unary call its idempotency level. */
  function IdempotencyArgument(level: string): string
  {
    "idempotencyLevel: ." + level
  }

  /** The statements after the initial send of a server-streaming or
      bidirectional body: they adapt the stream's results into an
      `AsyncThrowingStream`, yielding each message, ignoring headers,
      finishing with the completion's error if there is one, and cancelling
      the underlying stream when the consumer terminates. */
  const StreamAdapter: seq<string> := [
    "continuation.onTermination = { _ in",
    "stream.cancel()",
    "}",
    "Task {",
    "for await result in stream.results() {",
    "switch result {",
    "case .message(let message):",
    "continuation.yield(message)",
    "case .headers:",
    "break",
    "case let .complete(_, error, _):",
    "if let error {",
    "continuation.finish(throwing: error)",
    "} else {",
    "continuation.finish()",
    "}",
    "}",
    "}",
    "}",
    "}",
    "return asyncStream" ]

  /** The statements of a bidirectional-streaming method. */
  function BidirectionalBody(inputName: string, outputName: string, path: string): seq<string>
  {
    [ StreamOpening("BidirectionalAsyncStreamInterface", "bidirectionalStream", inputName, outputName, path),
      "var request = " + inputName + "()",
      PopulatorCall,
      SendRequest,
      "let asyncStream = AsyncThrowingStream<" + outputName + ", Error> { continuation in" ]
    + StreamAdapter
  }

  /** The statements of a server-streaming method. */
  function ServerStreamBody(inputName: string, outputName: string, path: string): seq<string>
  {
    [ StreamOpening("ServerOnlyAsyncStreamInterface", "serverOnlyStream", inputName, outputName, path),
      "var request = " + inputName + "()",
      PopulatorCall,
      SendRequest,
      "let asyncStream = AsyncThrowingStream<" + outputName + ", Error> { continuation in" ]
    + StreamAdapter
  }

  /** The statements of a client-streaming method. */
  function ClientStreamBody(inputName: string, outputName: string, path: string): seq<string>
  {
    [ StreamOpening("ClientOnlyAsyncStreamInterface", "clientOnlyStream", inputName, outputName, path),
      "return stream" ]
  }

  /** The statements of a unary method. The generator's line continuations
      put the whole transport call on one line; the line before it keeps its
      trailing space. */
  function UnaryBody(inputName: string, outputName: string, path: string, level: string): seq<string>
  {
    [ "var request = " + inputName + "()",
      PopulatorCall,
      "let responseMessage: ResponseMessage<" + outputName + "> = ",
      UnaryCallPrefix + PathArgument(path) + ", " + IdempotencyArgument(level) + ", request: request, headers: [:])" ]
    + [ "switch responseMessage.result {",
        "case .success(let successData):",
        "return successData",
        "case .failure(let error):",
        "throw error",
        "}" ]
  }

  /** The statements of the generated method for `m`, chosen by the same
      branch chain as the signature. */
  function ReturnValueLines(m: Method, naming: Naming): seq<string>
  {
    var inputName := naming.fullName(m.inputType);
    var outputName := naming.fullName(m.outputType);
    match MethodShape(m)
    case Bidirectional => BidirectionalBody(inputName, outputName, MethodPath(m))
    case ServerStream => ServerStreamBody(inputName, outputName, MethodPath(m))
    case ClientStream => ClientStreamBody(inputName, outputName, MethodPath(m))
    case Unary => UnaryBody(inputName, outputName, MethodPath(m), IdempotencyLevel(m.idempotencyLevel))
  }

  /** The body text of the generated method, as one multi-line string. */
  function AsyncAwaitThrowingReturnValue(m: Method, naming: Naming): string
  {
    Join(ReturnValueLines(m, naming), "\n")
  }

  /** The opening line shared by the three streaming bodies: it declares
      `stream` with the given interface type and opens it with the given
      client operation at the method path. */
  function StreamOpening(interface: string, operation: string, inputName: string, outputName: string, path: string): string
  {
    "let stream: any Connect." + interface + "<" + inputName + ", " + outputName
    + "> = self.client." + operation + "(" + PathArgument(path) + ", headers: [:])"
  }

  /** The bidirectional and server-streaming bodies are the same apart from
      their first line, which differs only in the interface type and the
      client operation; the client-streaming body opens its stream the same
      way with the client-only operation. */
  lemma StreamingBodiesShareAdapter(inputName: string, outputName: string, path: string)
    ensures var b := BidirectionalBody(inputName, outputName, path);
            var s := ServerStreamBody(inputName, outputName, path);
      && |b| == |s|
      && b[1..] == s[1..]
      && b[0] == StreamOpening("BidirectionalAsyncStreamInterface", "bidirectionalStream", inputName, outputName, path)
      && s[0] == StreamOpening("ServerOnlyAsyncStreamInterface", "serverOnlyStream", inputName, outputName, path)
    ensures ClientStreamBody(inputName, outputName, path)[0]
      == StreamOpening("ClientOnlyAsyncStreamInterface", "clientOnlyStream", inputName, outputName, path)
  {
  }

  /** No line of the stream adapter begins like a populator call, a send
      or a unary call. */
  lemma StreamAdapterFirstChars(line: string)
    requires line in StreamAdapter
    ensures |line| > 0 && line[0] != 'p' && line[0] != 't' && line[0] != 'a'
  {
  }

  /** The server-streaming and bidirectional bodies populate and send
      exactly one request and make no unary call. */
  lemma StreamingBodyCounts(lines: seq<string>, opening: string, i: string, o: string)
    requires lines == [opening, "var request = " + i + "()", PopulatorCall, SendRequest,
      "let asyncStream = AsyncThrowingStream<" + o + ", Error> { continuation in"] + StreamAdapter
    requires StartsWith(opening, "let ")
    ensures CountStartingWith(lines, PopulatorPrefix) == 1
    ensures CountStartingWith(lines, SendPrefix) == 1
    ensures CountStartingWith(lines, UnaryCallPrefix) == 0
  {
    StartsWithConcat(PopulatorPrefix, "&request)");
    StartsWithConcat(SendPrefix, "request)");
    assert opening[..4][0] == 'l';
    forall k | 0 <= k < |lines|
      ensures !StartsWith(lines[k], UnaryCallPrefix)
      ensures k != 2 ==> !StartsWith(lines[k], PopulatorPrefix)
      ensures k != 3 ==> !StartsWith(lines[k], SendPrefix)
    {
      if k >= 5 {
        assert lines[k] == StreamAdapter[k - 5];
        StreamAdapterFirstChars(lines[k]);
      }
      FirstCharDiffers(lines[k], UnaryCallPrefix);
      if k != 2 { FirstCharDiffers(lines[k], PopulatorPrefix); }
      if k != 3 { FirstCharDiffers(lines[k], SendPrefix); }
    }
    CountOne(lines, PopulatorPrefix, 2);
    CountOne(lines, SendPrefix, 3);
    CountNone(lines, UnaryCallPrefix);
  }

  /** The unary body populates one request, sends nothing on a stream and
      makes the unary call once. */
  lemma UnaryBodyCounts(i: string, o: string, path: string, level: string)
    ensures CountStartingWith(UnaryBody(i, o, path, level), PopulatorPrefix) == 1
    ensures CountStartingWith(UnaryBody(i, o, path, level), SendPrefix) == 0
    ensures CountStartingWith(UnaryBody(i, o, path, level), UnaryCallPrefix) == 1
  {
    var lines := UnaryBody(i, o, path, level);
    var args := PathArgument(path) + ", " + IdempotencyArgument(level) + ", request: request, headers: [:])";
    StartsWithConcat(PopulatorPrefix, "&request)");
    StartsWithConcat(UnaryCallPrefix, args);
    assert lines[3] == UnaryCallPrefix + args;
    forall k | 0 <= k < |lines|
      ensures !StartsWith(lines[k], SendPrefix)
      ensures k != 1 ==> !StartsWith(lines[k], PopulatorPrefix)
      ensures k != 3 ==> !StartsWith(lines[k], UnaryCallPrefix)
    {
      if k == 8 {
        assert |lines[k]| < |SendPrefix|;
      } else {
        FirstCharDiffers(lines[k], SendPrefix);
      }
      if k != 1 { FirstCharDiffers(lines[k], PopulatorPrefix); }
      if k != 3 { FirstCharDiffers(lines[k], UnaryCallPrefix); }
    }
    CountOne(lines, PopulatorPrefix, 1);
    CountNone(lines, SendPrefix);
    CountOne(lines, UnaryCallPrefix, 3);
  }

  /** Which bodies populate a request, send it on a stream, or make the
      unary call (the one transport call taking an idempotency level):
      every shape but client streaming populates one request; the
      server-streaming and bidirectional bodies send exactly that one; only
      the unary body calls `unary`, once; the client-streaming body does
      none of these. */
  lemma BodyRequestCounts(m: Method, naming: Naming)
    ensures CountStartingWith(ReturnValueLines(m, naming), PopulatorPrefix)
      == (if MethodShape(m) == ClientStream then 0 else 1)
    ensures CountStartingWith(ReturnValueLines(m, naming), SendPrefix)
      == (if MethodShape(m).ServerStreams() then 1 else 0)
    ensures CountStartingWith(ReturnValueLines(m, naming), UnaryCallPrefix)
      == (if MethodShape(m) == Unary then 1 else 0)
  {
    var lines := ReturnValueLines(m, naming);
    var i := naming.fullName(m.inputType);
    var o := naming.fullName(m.outputType);
    var path := MethodPath(m);
    match MethodShape(m)
    case ClientStream =>
      forall k | 0 <= k < |lines|
        ensures !StartsWith(lines[k], PopulatorPrefix)
        ensures !StartsWith(lines[k], SendPrefix)
        ensures !StartsWith(lines[k], UnaryCallPrefix)
      {
        if k == 0 {
          var opening := StreamOpening("ClientOnlyAsyncStreamInterface", "clientOnlyStream", i, o, path);
          assert lines == ClientStreamBody(i, o, path);
          assert lines[0] == opening;
          StreamOpeningStartsWithLet("ClientOnlyAsyncStreamInterface", "clientOnlyStream", i, o, path);
          assert opening[..4] == "let ";
          assert opening[0] == opening[..4][0];
        }
        FirstCharDiffers(lines[k], PopulatorPrefix);
        FirstCharDiffers(lines[k], SendPrefix);
        FirstCharDiffers(lines[k], UnaryCallPrefix);
      }
      CountNone(lines, PopulatorPrefix);
      CountNone(lines, SendPrefix);
      CountNone(lines, UnaryCallPrefix);
    case Unary =>
      UnaryBodyCounts(i, o, path, IdempotencyLevel(m.idempotencyLevel));
    case Bidirectional =>
      var opening := StreamOpening("BidirectionalAsyncStreamInterface", "bidirectionalStream", i, o, path);
      StreamOpeningStartsWithLet("BidirectionalAsyncStreamInterface", "bidirectionalStream", i, o, path);
      StreamingBodyCounts(lines, opening, i, o);
    case ServerStream =>
      var opening := StreamOpening("ServerOnlyAsyncStreamInterface", "serverOnlyStream", i, o, path);
      StreamOpeningStartsWithLet("ServerOnlyAsyncStreamInterface", "serverOnlyStream", i, o, path);
      StreamingBodyCounts(lines, opening, i, o);
  }

  lemma StreamOpeningStartsWithLet(interface: string, operation: string, i: string, o: string, path: string)
    ensures StartsWith(StreamOpening(interface, operation, i, o, path), "let ")
  {
    var s := StreamOpening(interface, operation, i, o, path);
    assert s[0] == 'l' && s[1] == 'e' && s[2] == 't' && s[3] == ' ';
    assert s[..4] == "let ";
  }

  /** Every body addresses its transport call to the method path. */
  lemma BodyPassesMethodPath(m: Method, naming: Naming)
    ensures Contains(AsyncAwaitThrowingReturnValue(m, naming), PathArgument(MethodPath(m)))
  {
    var lines := ReturnValueLines(m, naming);
    var i := naming.fullName(m.inputType);
    var o := naming.fullName(m.outputType);
    var path := MethodPath(m);
    if MethodShape(m) == Unary {
      var level := IdempotencyLevel(m.idempotencyLevel);
      ContainsInfix(UnaryCallPrefix, PathArgument(path), ", " + IdempotencyArgument(level) + ", request: request, headers: [:])");
      assert lines[3] == UnaryCallPrefix + PathArgument(path) + (", " + IdempotencyArgument(level) + ", request: request, headers: [:])");
      JoinContains(lines, "\n", 3, PathArgument(path));
    } else {
      var interface := if MethodShape(m) == Bidirectional then "BidirectionalAsyncStreamInterface"
        else if MethodShape(m) == ServerStream then "ServerOnlyAsyncStreamInterface"
        else "ClientOnlyAsyncStreamInterface";
      var operation := if MethodShape(m) == Bidirectional then "bidirectionalStream"
        else if MethodShape(m) == ServerStream then "serverOnlyStream"
        else "clientOnlyStream";
      assert lines[0] == StreamOpening(interface, operation, i, o, path);
      ContainsInfix("let stream: any Connect." + interface + "<" + i + ", " + o + "> = self.client." + operation + "(",
        PathArgument(path), ", headers: [:])");
      JoinContains(lines, "\n", 0, PathArgument(path));
    }
  }

  /** The unary body hands the transport the method's idempotency literal,
      on the line that makes the unary call. Together with
      `BodyRequestCounts` (no other shape has such a line) this says that
      only unary methods pass an idempotency level. */
  lemma UnaryBodyPassesIdempotency(m: Method, naming: Naming)
    requires MethodShape(m) == Unary
    ensures var lines := ReturnValueLines(m, naming);
      && StartsWith(lines[3], UnaryCallPrefix)
      && Contains(lines[3], IdempotencyArgument(IdempotencyLevel(m.idempotencyLevel)))
    ensures Contains(AsyncAwaitThrowingReturnValue(m, naming), IdempotencyArgument(IdempotencyLevel(m.idempotencyLevel)))
  {
    UnaryCallCarriesLevel(naming.fullName(m.inputType), naming.fullName(m.outputType), MethodPath(m),
      IdempotencyLevel(m.idempotencyLevel));
  }

  /** The unary call line of a unary body carries the idempotency argument. */
  lemma UnaryCallCarriesLevel(i: string, o: string, path: string, level: string)
    ensures StartsWith(UnaryBody(i, o, path, level)[3], UnaryCallPrefix)
    ensures Contains(UnaryBody(i, o, path, level)[3], IdempotencyArgument(level))
    ensures Contains(Join(UnaryBody(i, o, path, level), "\n"), IdempotencyArgument(level))
  {
    var lines := UnaryBody(i, o, path, level);
    var rest := ", request: request, headers: [:])";
    StartsWithConcat(UnaryCallPrefix, PathArgument(path) + ", " + IdempotencyArgument(level) + rest);
    assert lines[3] == UnaryCallPrefix + (PathArgument(path) + ", " + IdempotencyArgument(level) + rest);
    ContainsInfix(UnaryCallPrefix + PathArgument(path) + ", ", IdempotencyArgument(level), rest);
    JoinContains(lines, "\n", 3, IdempotencyArgument(level));
  }

  /** A unary failure is rethrown: the failure case of the response is
      followed by a `throw` of the carried error, and success returns the
      payload. */
  lemma UnaryBodyPropagatesFailure(m: Method, naming: Naming)
    requires MethodShape(m) == Unary
    ensures var lines := ReturnValueLines(m, naming);
      && (exists k :: 0 <= k < |lines| - 1 && lines[k] == "case .failure(let error):" && lines[k + 1] == "throw error")
      && (exists k :: 0 <= k < |lines| - 1 && lines[k] == "case .success(let successData):" && lines[k + 1] == "return successData")
  {
    var lines := ReturnValueLines(m, naming);
    assert lines[7] == "case .failure(let error):" && lines[8] == "throw error";
    assert lines[5] == "case .success(let successData):" && lines[6] == "return successData";
  }

  /** The server-streaming and bidirectional bodies tie the consumer's
      termination of the returned stream to cancelling the transport
      stream, and finish the returned stream with the completion's error. */
  lemma StreamingBodyWiresCancellation(m: Method, naming: Naming)
    requires MethodShape(m).ServerStreams()
    ensures var lines := ReturnValueLines(m, naming);
      && (exists k :: 0 <= k < |lines| - 1 && lines[k] == OnTermination && lines[k + 1] == CancelStream)
      && "continuation.finish(throwing: error)" in lines
  {
    var lines := ReturnValueLines(m, naming);
    assert lines[5] == OnTermination && lines[6] == CancelStream;
    assert lines[17] == "continuation.finish(throwing: error)";
  }

  /** The client-streaming method declares an `AsyncThrowingStream` result
      yet its body returns the client-only stream handle it opens. */
  lemma ClientStreamBodyReturnsHandle(m: Method, naming: Naming)
    requires MethodShape(m) == ClientStream
    ensures StartsWith(ReturnValue(m, naming), "AsyncThrowingStream<")
    ensures var lines := ReturnValueLines(m, naming);
      && |lines| == 2
      && lines[0] == StreamOpening("ClientOnlyAsyncStreamInterface", "clientOnlyStream",
           naming.fullName(m.inputType), naming.fullName(m.outputType), MethodPath(m))
      && lines[1] == "return stream"
  {
    var o := naming.fullName(m.outputType);
    StartsWithConcat("AsyncThrowingStream<", o + ", Error>");
    assert ReturnValue(m, naming) == "AsyncThrowingStream<" + (o + ", Error>");
  }

  /** The stream-opening line holds an ampersand only where a name does. */
  lemma StreamOpeningAvoidsAmpersand(interface: string, operation: string, inputName: string, outputName: string, path: string)
    requires '&' !in interface && '&' !in operation && '&' !in inputName && '&' !in outputName && '&' !in path
    ensures '&' !in StreamOpening(interface, operation, inputName, outputName, path)
  {
    var parts := ["let stream: any Connect.", interface, "<", inputName, ", ", outputName,
                  "> = self.client.", operation, "(path: \"", path, "\"", ", headers: [:])"];
    assert forall k :: 0 <= k < |parts| ==> '&' !in parts[k];
  }

  /** When no name holds an ampersand, the client-streaming body contains no
      populator call: the caller cannot customise the request there. */
  lemma ClientStreamBodySkipsPopulator(m: Method, naming: Naming)
    requires MethodShape(m) == ClientStream
    requires '&' !in naming.fullName(m.inputType) && '&' !in naming.fullName(m.outputType)
    requires '&' !in m.servicePath && '&' !in m.name
    ensures !Contains(AsyncAwaitThrowingReturnValue(m, naming), PopulatorCall)
  {
    var path := MethodPath(m);
    assert '&' !in path;
    ClientStreamTextSkipsPopulator(naming.fullName(m.inputType), naming.fullName(m.outputType), path);
  }

  /** The joined client-streaming statements hold no populator call when no
      name in them holds an ampersand. */
  lemma ClientStreamTextSkipsPopulator(i: string, o: string, path: string)
    requires '&' !in i && '&' !in o && '&' !in path
    ensures !Contains(Join(ClientStreamBody(i, o, path), "\n"), PopulatorCall)
  {
    var lines := ClientStreamBody(i, o, path);
    StreamOpeningAvoidsAmpersand("ClientOnlyAsyncStreamInterface", "clientOnlyStream", i, o, path);
    assert '&' !in lines[1];
    JoinAvoidsChar(lines, "\n", '&');
    assert PopulatorCall[11] == '&';
    MissingCharNotContained(Join(lines, "\n"), PopulatorCall, '&');
  }

  /** Every availability annotation is an attribute: it starts with `@`. */
  lemma AnnotationIsAttribute(m: Method)
    ensures |AsyncAwaitAvailabilityAnnotation(m)| > 0 && AsyncAwaitAvailabilityAnnotation(m)[0] == '@'
  {
    var r := AsyncAwaitAvailabilityAnnotation(m);
    if m.deprecated {
      var prefix := AvailabilityPrefix("iOS", "13");
      assert prefix[0] == '@';
      assert r[0] == r[..|prefix|][0];
    }
  }

  /** Every body opens with a local declaration: `var request` for unary
      methods, the transport stream `let stream` for the streaming shapes. */
  lemma BodyOpensWithDeclaration(m: Method, naming: Naming)
    ensures MethodShape(m) == Unary ==> StartsWith(AsyncAwaitThrowingReturnValue(m, naming), "var request = ")
    ensures MethodShape(m) != Unary ==> StartsWith(AsyncAwaitThrowingReturnValue(m, naming), "let stream: any Connect.")
  {
    var lines := ReturnValueLines(m, naming);
    var prefix := if MethodShape(m) == Unary then "var request = " else "let stream: any Connect.";
    FirstLineDeclares(m, naming, lines, prefix);
    JoinStartsWithFirst(lines, "\n");
    StartsWithTransitive(Join(lines, "\n"), lines[0], prefix);
  }

  /** The first statement of a body declares the request or the stream. */
  lemma FirstLineDeclares(m: Method, naming: Naming, lines: seq<string>, prefix: string)
    requires lines == ReturnValueLines(m, naming)
    requires prefix == if MethodShape(m) == Unary then "var request = " else "let stream: any Connect."
    ensures |lines| > 0 && StartsWith(lines[0], prefix)
  {
    var i := naming.fullName(m.inputType);
    var o := naming.fullName(m.outputType);
    var path := MethodPath(m);
    match MethodShape(m) {
      case Unary =>
        assert lines[0] == "var request = " + i + "()";
        assert lines[0][..|prefix|] == prefix;
      case Bidirectional =>
        StreamOpeningDeclaresStream("BidirectionalAsyncStreamInterface", "bidirectionalStream", i, o, path);
      case ServerStream =>
        StreamOpeningDeclaresStream("ServerOnlyAsyncStreamInterface", "serverOnlyStream", i, o, path);
      case ClientStream =>
        StreamOpeningDeclaresStream("ClientOnlyAsyncStreamInterface", "clientOnlyStream", i, o, path);
    }
  }

  /** The opening line of every streaming body declares the `stream`
      constant with a Connect interface type. */
  lemma StreamOpeningDeclaresStream(interface: string, operation: string, i: string, o: string, path: string)
    ensures StartsWith(StreamOpening(interface, operation, i, o, path), "let stream: any Connect.")
  {
    var head := "let stream: any Connect.";
    var line := StreamOpening(interface, operation, i, o, path);
    assert line == head + (interface + "<" + i + ", " + o + "> = self.client." + operation + "(" + PathArgument(path) + ", headers: [:])");
    assert line[..|head|] == head;
  }
}
