/** The method-level helpers shared by the generator: the wire path, the
    display name, the Swift call signature and its return type. */
module MethodExtensions {
  import opened Wrappers
  import opened Strings
  import opened Descriptor
  import opened Parsing

  /** The transport address of a method: `/<service path>/<raw name>`. */
  function MethodPath(m: Method): (r: string)
    ensures StartsWith(r, "/")
    ensures EndsWith(r, "/" + m.name)
  {
    var r := "/" + m.servicePath + "/" + m.name;
    assert r[..1] == "/";
    assert r[|r| - |"/" + m.name|..] == "/" + m.name;
    r
  }

  /** A method path reads back as the service path and the method name
      whenever the name holds no slash. */
  lemma MethodPathRoundTrip(m: Method)
    requires '/' !in m.name
    ensures ParseMethodPath(MethodPath(m)) == Some((m.servicePath, m.name))
  {
    var r := MethodPath(m);
    assert r[|m.servicePath| + 1] == '/';
    assert r[1..|m.servicePath| + 1] == m.servicePath;
    assert r[|m.servicePath| + 2..] == m.name;
    assert forall j :: |m.servicePath| + 1 < j < |r| ==> r[j] == m.name[j - |m.servicePath| - 2];
  }

  /** The name the Swift method is declared with. */
  function MethodName(m: Method, options: GeneratorOptions, naming: Naming): string
  {
    if options.keepMethodCasing then m.name else naming.toLowerCamelCase(m.name)
  }

  /** The Swift type of a method's result: the output message for unary
      calls and a throwing asynchronous stream of output messages for all
      three streaming shapes, client-only streaming included. */
  function ReturnValue(m: Method, naming: Naming): string
  {
    if MethodShape(m) == Unary then naming.fullName(m.outputType)
    else "AsyncThrowingStream<" + naming.fullName(m.outputType) + ", Error>"
  }

  /** Unary methods return the output message itself; every streaming
      shape returns a throwing asynchronous stream of it. The stream type
      is recognisable by its opening and closing text. */
  lemma ReturnValueByShape(m: Method, naming: Naming)
    ensures MethodShape(m) == Unary ==> ReturnValue(m, naming) == naming.fullName(m.outputType)
    ensures MethodShape(m) != Unary ==>
      && StartsWith(ReturnValue(m, naming), "AsyncThrowingStream<")
      && EndsWith(ReturnValue(m, naming), ", Error>")
      && ReturnValue(m, naming)[20..|ReturnValue(m, naming)| - 8] == naming.fullName(m.outputType)
  {
    if MethodShape(m) != Unary {
      var o := naming.fullName(m.outputType);
      var r := ReturnValue(m, naming);
      assert r == "AsyncThrowingStream<" + o + ", Error>";
      assert r[..20] == "AsyncThrowingStream<";
      assert r[|r| - 8..] == ", Error>";
      assert r[20..|r| - 8] == o;
    }
  }

  /** The declaration of the Swift method for `m`, with or without default
      parameter values. The name is backtick-escaped so that Swift keywords
      are usable as method names. */
  function AsyncAwaitThrowingSignature(m: Method, options: GeneratorOptions, naming: Naming, includeDefaults: bool): (r: string)
    ensures StartsWith(r, "func `" + MethodName(m, options, naming) + "`(")
    ensures EndsWith(r, ReturnValue(m, naming))
  {
    var methodName := MethodName(m, options, naming);
    var inputName := naming.fullName(m.inputType);
    var ret := ReturnValue(m, naming);
    SignatureTextBounds(methodName, inputName, includeDefaults, MethodShape(m) == Unary, ret);
    SignatureText(methodName, inputName, includeDefaults, MethodShape(m) == Unary, ret)
  }

  /** When the name holds no backtick and the input type no closing
      parenthesis, a signature reads back into the name, the input type, the
      default flag, the `async` flag (set exactly for unary methods) and the
      return type. */
  lemma SignatureRoundTrip(m: Method, options: GeneratorOptions, naming: Naming, includeDefaults: bool)
    requires '`' !in MethodName(m, options, naming) && ')' !in naming.fullName(m.inputType)
    ensures ParseSignature(AsyncAwaitThrowingSignature(m, options, naming, includeDefaults)) == Some(SignatureParts(
      MethodName(m, options, naming), naming.fullName(m.inputType), includeDefaults,
      MethodShape(m) == Unary, ReturnValue(m, naming)))
  {
    var name := MethodName(m, options, naming);
    var input := naming.fullName(m.inputType);
    var ret := ReturnValue(m, naming);
    assert AsyncAwaitThrowingSignature(m, options, naming, includeDefaults)
      == SignatureText(name, input, includeDefaults, MethodShape(m) == Unary, ret);
    ParseSignatureRoundTrip(name, input, includeDefaults, MethodShape(m) == Unary, ret);
  }

  /** The populator parameter carries the `= nil` default exactly in the
      signature generated with defaults, provided no name holds an equals
      sign. */
  lemma SignatureDefaultsMarker(m: Method, options: GeneratorOptions, naming: Naming, includeDefaults: bool)
    requires '=' !in MethodName(m, options, naming)
    requires '=' !in naming.fullName(m.inputType) && '=' !in naming.fullName(m.outputType)
    ensures Contains(AsyncAwaitThrowingSignature(m, options, naming, includeDefaults), NilDefault) <==> includeDefaults
  {
    var ret := ReturnValue(m, naming);
    assert '=' !in ret;
    SignatureDefaultMarker(MethodName(m, options, naming), naming.fullName(m.inputType),
      includeDefaults, MethodShape(m) == Unary, ret);
    assert AsyncAwaitThrowingSignature(m, options, naming, includeDefaults) == SignatureText(
      MethodName(m, options, naming), naming.fullName(m.inputType), includeDefaults, MethodShape(m) == Unary, ret);
  }

  /** Unary methods are declared `async throws`; the streaming shapes are
      declared `throws` alone, since they return a stream right away. */
  lemma SignatureEffects(m: Method, options: GeneratorOptions, naming: Naming, includeDefaults: bool)
    ensures MethodShape(m) == Unary ==>
      EndsWith(AsyncAwaitThrowingSignature(m, options, naming, includeDefaults), ") async throws -> " + ReturnValue(m, naming))
    ensures MethodShape(m) != Unary ==>
      EndsWith(AsyncAwaitThrowingSignature(m, options, naming, includeDefaults), ") throws -> " + ReturnValue(m, naming))
  {
    var ret := ReturnValue(m, naming);
    var unary := MethodShape(m) == Unary;
    SignatureEndsWithClose(MethodName(m, options, naming), naming.fullName(m.inputType), includeDefaults, unary, ret);
    assert AsyncAwaitThrowingSignature(m, options, naming, includeDefaults) == SignatureText(
      MethodName(m, options, naming), naming.fullName(m.inputType), includeDefaults, unary, ret);
  }

  /** With method casing kept, the declared name is the last segment of the
      method path. */
  lemma KeptCasingMatchesPath(m: Method, options: GeneratorOptions, naming: Naming)
    requires options.keepMethodCasing && '/' !in m.name
    ensures ParseMethodPath(MethodPath(m)).Some?
    ensures ParseMethodPath(MethodPath(m)).value.1 == MethodName(m, options, naming)
  {
    MethodPathRoundTrip(m);
  }

  /** Every shape takes the same populator parameter: two methods with the
      same name and input type, whatever their streaming flags, have
      signatures that agree up to the end of the parameter list. */
  lemma PopulatorParameterSharedByShapes(m1: Method, m2: Method, options: GeneratorOptions, naming: Naming, includeDefaults: bool)
    requires m1.name == m2.name && m1.inputType == m2.inputType
    ensures var head := "func `" + MethodName(m1, options, naming) + "`("
        + PopulatorParameter(naming.fullName(m1.inputType), includeDefaults) + ") ";
      && StartsWith(AsyncAwaitThrowingSignature(m1, options, naming, includeDefaults), head)
      && StartsWith(AsyncAwaitThrowingSignature(m2, options, naming, includeDefaults), head)
  {
    var name := MethodName(m1, options, naming);
    var input := naming.fullName(m1.inputType);
    assert AsyncAwaitThrowingSignature(m1, options, naming, includeDefaults) == SignatureText(
      name, input, includeDefaults, MethodShape(m1) == Unary, ReturnValue(m1, naming));
    assert AsyncAwaitThrowingSignature(m2, options, naming, includeDefaults) == SignatureText(
      name, input, includeDefaults, MethodShape(m2) == Unary, ReturnValue(m2, naming));
    SignatureOpensWithPopulator(name, input, includeDefaults, MethodShape(m1) == Unary, ReturnValue(m1, naming));
    SignatureOpensWithPopulator(name, input, includeDefaults, MethodShape(m2) == Unary, ReturnValue(m2, naming));
  }
}
